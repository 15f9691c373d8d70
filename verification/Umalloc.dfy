/**
 The Kernighan and Ritchie allocator of user/umalloc.c.  Addresses and sizes
 count header units.  next and size are the two words of the headers in memory;
 a sequence of addresses bl is the specification's view of the circular free
 list: the headers on it, in increasing order, starting with the static header
 base.
 */
module Umalloc {
  import opened Common

  /** The words of the headers. */
  datatype Memory = Memory(next: map<nat, nat>, size: map<nat, nat>)

  function After(bl: seq<nat>, i: nat): nat
    requires i < |bl|
  {
    if i + 1 < |bl| then bl[i + 1] else bl[0]
  }

  /** Block a ends before b starts, with something in between. */
  predicate Below(size: map<nat, nat>, a: nat, b: nat) {
    a in size && a + size[a] < b
  }

  /** The i-th header points to the next one up, the last one back to base; blocks neither overlap nor touch. */
  ghost predicate NodeOk(m: Memory, bl: seq<nat>, i: nat) {
    i < |bl| ==>
      && bl[i] in m.next && m.next[bl[i]] == After(bl, i)
      && bl[i] in m.size && (i > 0 ==> m.size[bl[i]] > 0 && Below(m.size, bl[i - 1], bl[i]))
  }

  ghost predicate Listed(m: Memory, bl: seq<nat>) {
    |bl| > 0 && forall i: nat {:trigger NodeOk(m, bl, i)} :: NodeOk(m, bl, i)
  }

  lemma {:induction false} Ascends(m: Memory, bl: seq<nat>, i: nat, j: nat)
    requires Listed(m, bl) && i < j < |bl|
    ensures Below(m.size, bl[i], bl[j])
  {
    assert NodeOk(m, bl, j) && NodeOk(m, bl, i);
    if i + 1 < j {
      Ascends(m, bl, i, j - 1);
    }
  }

  predicate InBlock(size: map<nat, nat>, b: nat, u: nat) {
    b in size && b <= u < b + size[b]
  }

  /** Unit u is in a block on the list. */
  ghost predicate Free(m: Memory, bl: seq<nat>, u: nat) {
    exists i: nat :: i < |bl| && InBlock(m.size, bl[i], u)
  }

  /** n units at b are clear of block i of the list: it is below, or above. */
  ghost predicate ClearOf(m: Memory, bl: seq<nat>, b: nat, n: nat, i: nat) {
    i < |bl| && bl[i] in m.size ==> bl[i] + m.size[bl[i]] <= b || b + n <= bl[i]
  }

  ghost predicate Clear(m: Memory, bl: seq<nat>, b: nat, n: nat) {
    forall i: nat {:trigger ClearOf(m, bl, b, n, i)} :: ClearOf(m, bl, b, n, i)
  }

  /** Block b of n units belongs right after place i: what it means for block j. */
  ghost predicate Sorted(m: Memory, bl: seq<nat>, i: nat, b: nat, n: nat, j: nat) {
    j < |bl| && bl[j] in m.size ==> if j <= i then bl[j] < b && bl[j] + m.size[bl[j]] <= b else b + n <= bl[j]
  }

  ghost predicate Place(m: Memory, bl: seq<nat>, i: nat, b: nat, n: nat) {
    i < |bl| && forall j: nat {:trigger Sorted(m, bl, i, b, n, j)} :: Sorted(m, bl, i, b, n, j)
  }

  /** A clear block above base has a place. */
  lemma HasPlace(m: Memory, bl: seq<nat>, b: nat, n: nat) returns (i: nat)
    requires Listed(m, bl) && bl[0] < b && n > 0 && Clear(m, bl, b, n)
    ensures Place(m, bl, i, b, n)
  {
    i := 0;
    while i + 1 < |bl| && bl[i + 1] < b
      invariant i < |bl| && bl[i] < b
    {
      i := i + 1;
    }
    forall j: nat ensures Sorted(m, bl, i, b, n, j) {
      assert ClearOf(m, bl, b, n, j) && NodeOk(m, bl, j) && NodeOk(m, bl, i) && NodeOk(m, bl, i + 1);
      if j < i {
        Ascends(m, bl, j, i);
      } else if i + 1 < j < |bl| {
        Ascends(m, bl, i + 1, j);
      }
    }
  }

  // ----- What free does to the list

  /** The first half of free's linking: b takes in the block above if they touch. */
  function LinkUp(m: Memory, p: nat, b: nat): Memory
    requires p in m.next && b in m.size
  {
    var q := m.next[p];
    if b + m.size[b] == q && q in m.size && q in m.next then
      Memory(m.next[b := m.next[q]], m.size[b := m.size[b] + m.size[q]])
    else m.(next := m.next[b := q])
  }

  /** The second half: the block below takes in b if they touch. */
  function LinkDown(m: Memory, p: nat, b: nat): Memory
    requires p in m.size && b in m.size && b in m.next
  {
    if p + m.size[p] == b then Memory(m.next[p := m.next[b]], m.size[p := m.size[p] + m.size[b]])
    else m.(next := m.next[p := b])
  }

  /** b goes in after place i, and takes the place of the block above when it has taken that in. */
  ghost function Inserted(bl: seq<nat>, i: nat, b: nat, right: bool, left: bool): (r: seq<nat>)
    requires i < |bl| && (right ==> i + 1 < |bl|)
    ensures |r| == |bl| + (if right then 0 else 1) - (if left then 1 else 0)
    ensures forall x: nat {:trigger r[x]} :: x < |r| ==>
      r[x] == if x <= i then bl[x] else if left then bl[if right then x + 1 else x]
              else if x == i + 1 then b else bl[if right then x else x - 1]
  {
    bl[..i + 1] + (if left then [] else [b]) + bl[if right then i + 2 else i + 1..]
  }

  ghost predicate Insertable(m: Memory, bl: seq<nat>, i: nat, b: nat) {
    Listed(m, bl) && b in m.size && m.size[b] > 0 && bl[0] < b && Place(m, bl, i, b, m.size[b])
  }

  predicate TouchesUp(m: Memory, bl: seq<nat>, i: nat, b: nat)
    requires i < |bl| && b in m.size
  {
    i + 1 < |bl| && b + m.size[b] == bl[i + 1]
  }

  predicate TouchesDown(m: Memory, bl: seq<nat>, i: nat, b: nat)
    requires i < |bl| && bl[i] in m.size
  {
    bl[i] + m.size[bl[i]] == b
  }

  /** b touches neither neighbour. */
  lemma InsertAlone(m: Memory, bl: seq<nat>, i: nat, b: nat, x: nat)
    requires Insertable(m, bl, i, b) && bl[i] in m.next && bl[i] in m.size
    requires !TouchesUp(m, bl, i, b) && !TouchesDown(m, bl, i, b)
    ensures NodeOk(Memory(m.next[b := After(bl, i)][bl[i] := b], m.size), Inserted(bl, i, b, false, false), x)
  {
    var r := Inserted(bl, i, b, false, false);
    assert NodeOk(m, bl, i) && Sorted(m, bl, i, b, m.size[b], i) && Sorted(m, bl, i, b, m.size[b], i + 1);
    assert NodeOk(m, bl, i + 1);
    if x < |r| {
      var k := if x <= i then x else x - 1;
      assert NodeOk(m, bl, k) && Sorted(m, bl, i, b, m.size[b], k);
      if k < i {
        Ascends(m, bl, k, i);
      } else if i < k < |bl| {
        Ascends(m, bl, i, k);
        if i < k - 1 {
          Ascends(m, bl, i, k - 1);
          assert Sorted(m, bl, i, b, m.size[b], k - 1);
        }
      }
    }
  }

  /** b and the block above become one block at b. */
  lemma InsertBelow(m: Memory, bl: seq<nat>, i: nat, b: nat, x: nat)
    requires Insertable(m, bl, i, b) && bl[i] in m.next && bl[i] in m.size
    requires TouchesUp(m, bl, i, b) && !TouchesDown(m, bl, i, b)
    ensures bl[i + 1] in m.size && NodeOk(Memory(m.next[b := After(bl, i + 1)][bl[i] := b],
      m.size[b := m.size[b] + m.size[bl[i + 1]]]), Inserted(bl, i, b, true, false), x)
  {
    var r := Inserted(bl, i, b, true, false);
    assert NodeOk(m, bl, i) && Sorted(m, bl, i, b, m.size[b], i) && Sorted(m, bl, i, b, m.size[b], i + 1);
    assert NodeOk(m, bl, i + 1) && NodeOk(m, bl, i + 2);
    if x < |r| {
      var k := x;
      assert NodeOk(m, bl, k) && Sorted(m, bl, i, b, m.size[b], k);
      if k < i {
        Ascends(m, bl, k, i);
      } else if i < k < |bl| {
        Ascends(m, bl, i, k);
        if i < k - 1 {
          Ascends(m, bl, i, k - 1);
          assert Sorted(m, bl, i, b, m.size[b], k - 1);
        }
      }
    }
  }

  /** b joins the block below. */
  lemma InsertAbove(m: Memory, bl: seq<nat>, i: nat, b: nat, x: nat)
    requires Insertable(m, bl, i, b) && bl[i] in m.next && bl[i] in m.size
    requires !TouchesUp(m, bl, i, b) && TouchesDown(m, bl, i, b)
    ensures NodeOk(Memory(m.next[b := After(bl, i)][bl[i] := After(bl, i)],
      m.size[bl[i] := m.size[bl[i]] + m.size[b]]), Inserted(bl, i, b, false, true), x)
  {
    var r := Inserted(bl, i, b, false, true);
    assert NodeOk(m, bl, i) && Sorted(m, bl, i, b, m.size[b], i) && Sorted(m, bl, i, b, m.size[b], i + 1);
    assert NodeOk(m, bl, i + 1);
    if x < |r| {
      var k := x;
      assert NodeOk(m, bl, k) && Sorted(m, bl, i, b, m.size[b], k);
      if k < i {
        Ascends(m, bl, k, i);
      } else if i < k < |bl| {
        Ascends(m, bl, i, k);
        if i < k - 1 {
          Ascends(m, bl, i, k - 1);
          assert Sorted(m, bl, i, b, m.size[b], k - 1);
        }
      }
    }
  }

  /** b closes the gap between its neighbours. */
  lemma InsertBetween(m: Memory, bl: seq<nat>, i: nat, b: nat, x: nat)
    requires Insertable(m, bl, i, b) && bl[i] in m.next && bl[i] in m.size
    requires TouchesUp(m, bl, i, b) && TouchesDown(m, bl, i, b)
    ensures bl[i + 1] in m.size && NodeOk(Memory(m.next[b := After(bl, i + 1)][bl[i] := After(bl, i + 1)],
      m.size[b := m.size[b] + m.size[bl[i + 1]]][bl[i] := m.size[bl[i]] + (m.size[b] + m.size[bl[i + 1]])]),
      Inserted(bl, i, b, true, true), x)
  {
    var r := Inserted(bl, i, b, true, true);
    assert NodeOk(m, bl, i) && Sorted(m, bl, i, b, m.size[b], i) && Sorted(m, bl, i, b, m.size[b], i + 1);
    assert NodeOk(m, bl, i + 1) && NodeOk(m, bl, i + 2);
    if x < |r| {
      var k := if x <= i then x else x + 1;
      assert NodeOk(m, bl, k) && Sorted(m, bl, i, b, m.size[b], k);
      if k < i {
        Ascends(m, bl, k, i);
      } else if i < k < |bl| {
        Ascends(m, bl, i, k);
        if i < k - 1 {
          Ascends(m, bl, i, k - 1);
          assert Sorted(m, bl, i, b, m.size[b], k - 1);
        }
      }
    }
  }

  lemma Neighbours(m: Memory, bl: seq<nat>, i: nat, b: nat)
    requires Insertable(m, bl, i, b)
    ensures bl[i] in m.next && m.next[bl[i]] == After(bl, i) && bl[i] in m.size && bl[0] <= bl[i] < b
    ensures i + 1 < |bl| ==> bl[i + 1] in m.size && bl[i + 1] in m.next && m.next[bl[i + 1]] == After(bl, i + 1)
  {
    assert NodeOk(m, bl, i) && Sorted(m, bl, i, b, m.size[b], i) && NodeOk(m, bl, i + 1);
    if i > 0 {
      Ascends(m, bl, 0, i);
    }
  }

  /** One node of the list after free's linking. */
  lemma InsertedNode(m: Memory, bl: seq<nat>, i: nat, b: nat, x: nat)
    requires Insertable(m, bl, i, b) && bl[i] in m.next && bl[i] in m.size
    requires var up := LinkUp(m, bl[i], b); bl[i] in up.size && b in up.size && b in up.next
    ensures NodeOk(LinkDown(LinkUp(m, bl[i], b), bl[i], b),
      Inserted(bl, i, b, TouchesUp(m, bl, i, b), TouchesDown(m, bl, i, b)), x)
  {
    hide NodeOk, Inserted, Listed, Sorted;
    Neighbours(m, bl, i, b);
    if TouchesUp(m, bl, i, b) {
      if TouchesDown(m, bl, i, b) {
        InsertBetween(m, bl, i, b, x);
      } else {
        InsertBelow(m, bl, i, b, x);
      }
    } else if TouchesDown(m, bl, i, b) {
      InsertAbove(m, bl, i, b, x);
    } else {
      InsertAlone(m, bl, i, b, x);
    }
  }

  /** Free's linking leaves one cycle in order of address. */
  lemma InsertKeepsList(m: Memory, bl: seq<nat>, i: nat, b: nat)
    requires Insertable(m, bl, i, b)
    ensures bl[i] in m.next && bl[i] in m.size
    ensures var up := LinkUp(m, bl[i], b);
      && bl[i] in up.size && b in up.size && b in up.next
      && Listed(LinkDown(up, bl[i], b), Inserted(bl, i, b, TouchesUp(m, bl, i, b), TouchesDown(m, bl, i, b)))
  {
    assert NodeOk(m, bl, i) && Sorted(m, bl, i, b, m.size[b], i) && NodeOk(m, bl, i + 1);
    var r := Inserted(bl, i, b, TouchesUp(m, bl, i, b), TouchesDown(m, bl, i, b));
    assert r != [];
    hide NodeOk, LinkDown, LinkUp, Inserted, TouchesUp, TouchesDown, Sorted;
    forall x: nat ensures NodeOk(LinkDown(LinkUp(m, bl[i], b), bl[i], b), r, x) {
      InsertedNode(m, bl, i, b, x);
    }
  }

  /** Exactly the units of b have become free, and no header off the list has changed. */
  ghost predicate Gained(m: Memory, bl: seq<nat>, t: Memory, r: seq<nat>, b: nat, n: nat) {
    && (forall u: nat {:trigger Free(t, r, u)} :: Free(t, r, u) <==> Free(m, bl, u) || b <= u < b + n)
    && (forall a: nat :: a in m.size && a !in bl && a != b ==> a in t.size && t.size[a] == m.size[a] && a !in r)
  }

  /** The blocks that touch b, and b, after the linking: one block over all their units. */
  lemma InsertSizes(m: Memory, bl: seq<nat>, i: nat, b: nat, t: Memory)
    requires Insertable(m, bl, i, b) && bl[i] in m.next && bl[i] in m.size
    requires var up := LinkUp(m, bl[i], b);
      bl[i] in up.size && b in up.size && b in up.next && t == LinkDown(up, bl[i], b)
    ensures TouchesUp(m, bl, i, b) ==> bl[i + 1] in m.size
    ensures var n := m.size[b] + (if TouchesUp(m, bl, i, b) then m.size[bl[i + 1]] else 0);
      && (if TouchesDown(m, bl, i, b) then t.size[bl[i]] == m.size[bl[i]] + n
        else t.size[bl[i]] == m.size[bl[i]] && t.size[b] == n)
    ensures t.size.Keys == m.size.Keys
    ensures forall a :: a in m.size && a != b && a != bl[i] ==> t.size[a] == m.size[a]
  {
    assert NodeOk(m, bl, i) && NodeOk(m, bl, i + 1) && Sorted(m, bl, i, b, m.size[b], i);
  }

  /** Where the units of block k of the old list are afterwards. */
  lemma InsertOldUnit(m: Memory, bl: seq<nat>, i: nat, b: nat, t: Memory, k: nat, u: nat) returns (x: nat)
    requires Insertable(m, bl, i, b) && bl[i] in m.next && bl[i] in m.size
    requires var up := LinkUp(m, bl[i], b);
      bl[i] in up.size && b in up.size && b in up.next && t == LinkDown(up, bl[i], b)
    requires k < |bl| && InBlock(m.size, bl[k], u)
    ensures var r := Inserted(bl, i, b, TouchesUp(m, bl, i, b), TouchesDown(m, bl, i, b));
      x < |r| && InBlock(t.size, r[x], u)
  {
    InsertSizes(m, bl, i, b, t);
    var right, left := TouchesUp(m, bl, i, b), TouchesDown(m, bl, i, b);
    assert NodeOk(m, bl, k) && Sorted(m, bl, i, b, m.size[b], k);
    if k <= i {
      x := k;
      if k < i {
        Ascends(m, bl, k, i);
      }
    } else if right && k == i + 1 {
      x := if left then i else i + 1;
    } else {
      Ascends(m, bl, i, k);
      x := if right && left then k - 1 else if right || left then k else k + 1;
    }
  }

  lemma InsertUnitsIn(m: Memory, bl: seq<nat>, i: nat, b: nat, t: Memory, u: nat)
    requires Insertable(m, bl, i, b) && bl[i] in m.next && bl[i] in m.size
    requires var up := LinkUp(m, bl[i], b);
      bl[i] in up.size && b in up.size && b in up.next && t == LinkDown(up, bl[i], b)
    requires Free(m, bl, u) || b <= u < b + m.size[b]
    ensures Free(t, Inserted(bl, i, b, TouchesUp(m, bl, i, b), TouchesDown(m, bl, i, b)), u)
  {
    var r := Inserted(bl, i, b, TouchesUp(m, bl, i, b), TouchesDown(m, bl, i, b));
    if b <= u < b + m.size[b] {
      InsertSizes(m, bl, i, b, t);
      assert InBlock(t.size, r[if TouchesDown(m, bl, i, b) then i else i + 1], u);
    } else {
      var k: nat :| k < |bl| && InBlock(m.size, bl[k], u);
      var x := InsertOldUnit(m, bl, i, b, t, k, u);
    }
  }

  lemma InsertUnitsOut(m: Memory, bl: seq<nat>, i: nat, b: nat, t: Memory, u: nat)
    requires Insertable(m, bl, i, b) && bl[i] in m.next && bl[i] in m.size
    requires var up := LinkUp(m, bl[i], b);
      bl[i] in up.size && b in up.size && b in up.next && t == LinkDown(up, bl[i], b)
    requires Free(t, Inserted(bl, i, b, TouchesUp(m, bl, i, b), TouchesDown(m, bl, i, b)), u)
    ensures Free(m, bl, u) || b <= u < b + m.size[b]
  {
    InsertSizes(m, bl, i, b, t);
    var right, left := TouchesUp(m, bl, i, b), TouchesDown(m, bl, i, b);
    var r := Inserted(bl, i, b, right, left);
    var x: nat :| x < |r| && InBlock(t.size, r[x], u);
    assert NodeOk(m, bl, i) && NodeOk(m, bl, i + 1);
    if !(b <= u < b + m.size[b]) {
      if (left && x == i) || (!left && x == i + 1) {
        assert (right && InBlock(m.size, bl[i + 1], u)) || InBlock(m.size, bl[i], u);
      } else {
        var k := if x <= i then x else if right && left then x + 1 else if right || left then x else x - 1;
        assert r[x] == bl[k] && NodeOk(m, bl, k) && Sorted(m, bl, i, b, m.size[b], k);
        if k < i {
          Ascends(m, bl, k, i);
        } else if i < k {
          Ascends(m, bl, i, k);
        }
        assert InBlock(m.size, bl[k], u);
      }
    }
  }

  /** After free's linking: one ordered cycle, with the units of b and no others added. */
  lemma InsertGains(m: Memory, bl: seq<nat>, i: nat, b: nat) returns (r: seq<nat>)
    requires Insertable(m, bl, i, b)
    ensures bl[i] in m.next && bl[i] in m.size
    ensures var up := LinkUp(m, bl[i], b);
      && bl[i] in up.size && b in up.size && b in up.next
      && Listed(LinkDown(up, bl[i], b), r) && Gained(m, bl, LinkDown(up, bl[i], b), r, b, m.size[b])
    ensures r[0] == bl[0] && bl[i] in r
    ensures bl[0] in m.size && m.size[bl[0]] == 0 ==>
      bl[0] in LinkDown(LinkUp(m, bl[i], b), bl[i], b).size && LinkDown(LinkUp(m, bl[i], b), bl[i], b).size[bl[0]] == 0
  {
    InsertKeepsList(m, bl, i, b);
    var t := LinkDown(LinkUp(m, bl[i], b), bl[i], b);
    r := Inserted(bl, i, b, TouchesUp(m, bl, i, b), TouchesDown(m, bl, i, b));
    InsertSizes(m, bl, i, b, t);
    forall u: nat ensures Free(t, r, u) <==> Free(m, bl, u) || b <= u < b + m.size[b] {
      if Free(m, bl, u) || b <= u < b + m.size[b] {
        InsertUnitsIn(m, bl, i, b, t, u);
      }
      if Free(t, r, u) {
        InsertUnitsOut(m, bl, i, b, t, u);
      }
    }
    assert r[i] == bl[i];
  }

  // ----- What malloc does to the list

  /** Exactly n units at a have been taken off the list, and no header off the list but a's has changed. */
  ghost predicate Lost(m: Memory, bl: seq<nat>, t: Memory, r: seq<nat>, a: nat, n: nat) {
    && (forall u: nat {:trigger Free(t, r, u)} :: Free(t, r, u) <==> Free(m, bl, u) && !(a <= u < a + n))
    && (forall u: nat :: a <= u < a + n ==> Free(m, bl, u))
    && (forall c: nat :: c in m.size && c !in bl && c != a ==> c in t.size && t.size[c] == m.size[c] && c !in r)
    && a !in r && a in t.size && t.size[a] == n
  }

  /** The exact fit: the block before it points past it. */
  lemma Unlink(m: Memory, bl: seq<nat>, k: nat)
    requires Listed(m, bl) && 0 < k < |bl|
    ensures bl[k] in m.size
    ensures var t, r := m.(next := m.next[bl[k - 1] := After(bl, k)]), bl[..k] + bl[k + 1..];
      Listed(t, r) && Lost(m, bl, t, r, bl[k], m.size[bl[k]]) && r[0] == bl[0] && bl[k - 1] in r
  {
    var t, r := m.(next := m.next[bl[k - 1] := After(bl, k)]), bl[..k] + bl[k + 1..];
    assert NodeOk(m, bl, k) && NodeOk(m, bl, k - 1);
    forall x: nat ensures NodeOk(t, r, x) {
      assert NodeOk(m, bl, x) && NodeOk(m, bl, x + 1) && NodeOk(m, bl, k + 1);
      if x < k - 1 {
        Ascends(m, bl, x, k - 1);
      } else if k <= x < |r| {
        Ascends(m, bl, k - 1, x + 1);
      }
    }
    UnlinkUnits(m, bl, k);
    assert r[k - 1] == bl[k - 1];
    forall x | 0 <= x < |r| ensures r[x] != bl[k] && r[x] in bl {
      if x < k {
        Ascends(m, bl, x, k);
      } else {
        Ascends(m, bl, k, x + 1);
      }
    }
  }

  lemma UnlinkUnits(m: Memory, bl: seq<nat>, k: nat)
    requires Listed(m, bl) && 0 < k < |bl| && bl[k] in m.size
    ensures forall u: nat :: Free(m, bl[..k] + bl[k + 1..], u) <==> Free(m, bl, u) && !InBlock(m.size, bl[k], u)
  {
    var r := bl[..k] + bl[k + 1..];
    forall u: nat ensures Free(m, r, u) <==> Free(m, bl, u) && !InBlock(m.size, bl[k], u) {
      if Free(m, r, u) {
        var x: nat :| x < |r| && InBlock(m.size, r[x], u);
        assert r[x] == bl[if x < k then x else x + 1];
        if x < k {
          Ascends(m, bl, x, k);
        } else {
          Ascends(m, bl, k, x + 1);
        }
      }
      if Free(m, bl, u) && !InBlock(m.size, bl[k], u) {
        var y: nat :| y < |bl| && InBlock(m.size, bl[y], u);
        assert r[if y < k then y else y - 1] == bl[y];
      }
    }
  }

  /** The tail of a larger block: the block shrinks, and a header is made for the tail. */
  lemma Carve(m: Memory, bl: seq<nat>, k: nat, n: nat)
    requires Listed(m, bl) && k < |bl| && bl[k] in m.size && 0 < n < m.size[bl[k]]
    ensures var a := bl[k] + m.size[bl[k]] - n;
      var t := m.(size := m.size[bl[k] := m.size[bl[k]] - n][a := n]);
      Listed(t, bl) && Lost(m, bl, t, bl, a, n)
  {
    var a := bl[k] + m.size[bl[k]] - n;
    var t := m.(size := m.size[bl[k] := m.size[bl[k]] - n][a := n]);
    forall x: nat ensures NodeOk(t, bl, x) {
      CarveNode(m, bl, k, n, x);
    }
    forall x | 0 <= x < |bl| ensures bl[x] != a {
      CarveNode(m, bl, k, n, x);
    }
    forall u: nat ensures Free(t, bl, u) <==> Free(m, bl, u) && !(a <= u < a + n) {
      CarveUnit(m, bl, k, n, u);
    }
    forall u: nat | a <= u < a + n ensures Free(m, bl, u) {
      assert InBlock(m.size, bl[k], u);
    }
  }

  lemma CarveNode(m: Memory, bl: seq<nat>, k: nat, n: nat, x: nat)
    requires Listed(m, bl) && k < |bl| && bl[k] in m.size && 0 < n < m.size[bl[k]]
    ensures var a := bl[k] + m.size[bl[k]] - n;
      NodeOk(m.(size := m.size[bl[k] := m.size[bl[k]] - n][a := n]), bl, x) && (x < |bl| ==> bl[x] != a)
  {
    assert NodeOk(m, bl, x);
    if x < |bl| {
      AwayFrom(m, bl, k, x);
      if x > 0 {
        assert NodeOk(m, bl, x - 1);
        AwayFrom(m, bl, k, x - 1);
      }
    }
  }

  /** Another block of the list is below block k or above it. */
  lemma AwayFrom(m: Memory, bl: seq<nat>, k: nat, x: nat)
    requires Listed(m, bl) && k < |bl| && x < |bl|
    ensures bl[k] in m.size && bl[x] in m.size
    ensures x < k ==> bl[x] + m.size[bl[x]] < bl[k]
    ensures x > k ==> bl[k] + m.size[bl[k]] < bl[x]
  {
    assert NodeOk(m, bl, k) && NodeOk(m, bl, x);
    if x < k {
      Ascends(m, bl, x, k);
    } else if x > k {
      Ascends(m, bl, k, x);
    }
  }

  lemma CarveUnit(m: Memory, bl: seq<nat>, k: nat, n: nat, u: nat)
    requires Listed(m, bl) && k < |bl| && bl[k] in m.size && 0 < n < m.size[bl[k]]
    ensures var a := bl[k] + m.size[bl[k]] - n;
      Free(m.(size := m.size[bl[k] := m.size[bl[k]] - n][a := n]), bl, u) <==> Free(m, bl, u) && !(a <= u < a + n)
  {
    var a := bl[k] + m.size[bl[k]] - n;
    var t := m.(size := m.size[bl[k] := m.size[bl[k]] - n][a := n]);
    if Free(t, bl, u) {
      var x: nat :| x < |bl| && InBlock(t.size, bl[x], u);
      AwayFrom(m, bl, k, x);
      assert InBlock(m.size, bl[x], u);
    }
    if Free(m, bl, u) && !(a <= u < a + n) {
      var x: nat :| x < |bl| && InBlock(m.size, bl[x], u);
      AwayFrom(m, bl, k, x);
      assert InBlock(t.size, bl[x], u);
    }
  }

  // ----- The heap: what is handed out, and what came from sbrk

  /** live are the blocks handed out, with their sizes; chunks what sbrk has given; all of it is below top. */
  datatype Heap = Heap(m: Memory, bl: seq<nat>, live: map<nat, nat>, chunks: seq<(nat, nat)>, top: nat)

  predicate InLive(h: Heap, a: nat, u: nat) {
    a in h.live && a <= u < a + h.live[a]
  }

  predicate InChunk(h: Heap, i: nat, u: nat) {
    i < |h.chunks| && h.chunks[i].0 <= u < h.chunks[i].0 + h.chunks[i].1
  }

  ghost predicate Obtained(h: Heap, u: nat) {
    exists i: nat :: InChunk(h, i, u)
  }

  /** The header of a block handed out says how long it is, and no unit of it is on the free list. */
  ghost predicate LiveOk(h: Heap, a: nat) {
    a in h.live ==>
      && a in h.m.size && h.m.size[a] == h.live[a] > 0 && a !in h.bl
      && forall u: nat {:trigger Free(h.m, h.bl, u)} :: InLive(h, a, u) ==> !Free(h.m, h.bl, u)
  }

  ghost predicate Apart(h: Heap, a: nat, c: nat) {
    a in h.live && c in h.live && a != c ==> a + h.live[a] <= c || c + h.live[c] <= a
  }

  /** Every unit from sbrk is free or handed out, and no other unit is either. */
  ghost predicate UnitOk(h: Heap, u: nat) {
    && (Obtained(h, u) <==> Free(h.m, h.bl, u) || exists a :: InLive(h, a, u))
    && (Obtained(h, u) ==> h.bl != [] && h.bl[0] < u < h.top)
  }

  ghost predicate HeapOk(h: Heap) {
    && Listed(h.m, h.bl) && h.bl[0] in h.m.size && h.m.size[h.bl[0]] == 0 && h.bl[0] < h.top
    && (forall a: nat {:trigger LiveOk(h, a)} :: LiveOk(h, a))
    && (forall a: nat, c: nat {:trigger Apart(h, a, c)} :: Apart(h, a, c))
    && (forall u: nat {:trigger UnitOk(h, u)} :: UnitOk(h, u))
  }

  /** No unit is both free and handed out, or handed out twice. */
  lemma UnitsAreOnce(h: Heap, u: nat, a: nat, c: nat)
    requires HeapOk(h)
    ensures Obtained(h, u) <==> Free(h.m, h.bl, u) || exists x :: InLive(h, x, u)
    ensures InLive(h, a, u) ==> !Free(h.m, h.bl, u)
    ensures InLive(h, a, u) && InLive(h, c, u) ==> a == c
  {
    assert UnitOk(h, u) && LiveOk(h, a) && Apart(h, a, c);
  }

  /** A block handed out is clear of the list, so it has a place there. */
  lemma LiveIsClear(h: Heap, a: nat)
    requires HeapOk(h) && a in h.live
    ensures a in h.m.size && h.m.size[a] > 0 && h.bl[0] < a && Clear(h.m, h.bl, a, h.m.size[a])
  {
    assert LiveOk(h, a) && InLive(h, a, a) && UnitOk(h, a);
    forall i: nat ensures ClearOf(h.m, h.bl, a, h.m.size[a], i) {
      assert NodeOk(h.m, h.bl, i);
      if i < |h.bl| {
        var u := if h.bl[i] < a then a else h.bl[i];
        assert InBlock(h.m.size, h.bl[i], u) && InLive(h, a, u) ==> Free(h.m, h.bl, u);
      }
    }
  }

  /** free gives back one block. */
  lemma FreeKeepsHeap(h: Heap, t: Memory, r: seq<nat>, a: nat)
    requires HeapOk(h) && a in h.live && Listed(t, r) && Gained(h.m, h.bl, t, r, a, h.live[a])
    requires r[0] == h.bl[0] && r[0] in t.size && t.size[r[0]] == 0
    ensures HeapOk(h.(m := t, bl := r, live := h.live - {a}))
  {
    var g := h.(m := t, bl := r, live := h.live - {a});
    forall c: nat ensures LiveOk(g, c) {
      assert LiveOk(h, c) && Apart(h, a, c);
    }
    forall c: nat, d: nat ensures Apart(g, c, d) {
      assert Apart(h, c, d);
    }
    forall u: nat ensures UnitOk(g, u) {
      assert UnitOk(h, u) && (InLive(h, a, u) <==> a <= u < a + h.live[a]);
      assert forall c :: InLive(g, c, u) <==> InLive(h, c, u) && c != a;
      assert forall i: nat :: InChunk(g, i, u) <==> InChunk(h, i, u);
    }
  }

  /** malloc hands one out. */
  lemma TakeKeepsHeap(h: Heap, t: Memory, r: seq<nat>, a: nat, n: nat)
    requires HeapOk(h) && n > 0 && Listed(t, r) && Lost(h.m, h.bl, t, r, a, n)
    requires r[0] == h.bl[0] && r[0] in t.size && t.size[r[0]] == 0
    ensures a !in h.live && HeapOk(h.(m := t, bl := r, live := h.live[a := n]))
  {
    var g := h.(m := t, bl := r, live := h.live[a := n]);
    assert Free(h.m, h.bl, a);
    assert LiveOk(h, a) && (a in h.live ==> InLive(h, a, a));
    forall c: nat ensures LiveOk(g, c) {
      assert LiveOk(h, c);
    }
    forall c: nat, d: nat ensures Apart(g, c, d) {
      assert Apart(h, c, d) && LiveOk(h, c) && LiveOk(h, d);
      if (c == a || d == a) && c != d && c in g.live && d in g.live {
        var e := if c == a then d else c;
        var u: nat := if e < a then a else e;
        UnitsAreOnce(h, u, e, e);
      }
    }
    forall u: nat ensures UnitOk(g, u) {
      assert UnitOk(h, u) && (InLive(g, a, u) <==> a <= u < a + n);
      assert forall c :: InLive(g, c, u) <==> InLive(h, c, u) || (c == a && a <= u < a + n);
      assert forall i: nat :: InChunk(g, i, u) <==> InChunk(h, i, u);
    }
  }

  lemma HeaderBelowTop(h: Heap, i: nat)
    requires HeapOk(h)
    ensures i < |h.bl| ==> h.bl[i] < h.top
  {
    assert NodeOk(h.m, h.bl, i);
    if 0 < i < |h.bl| {
      assert InBlock(h.m.size, h.bl[i], h.bl[i]);
      assert Free(h.m, h.bl, h.bl[i]) && UnitOk(h, h.bl[i]);
    }
  }

  lemma LiveBelowTop(h: Heap, a: nat)
    requires HeapOk(h)
    ensures a in h.live ==> a + h.live[a] <= h.top
  {
    assert LiveOk(h, a);
    if a in h.live {
      assert InLive(h, a, a + h.live[a] - 1) && UnitOk(h, a + h.live[a] - 1);
    }
  }

  lemma FreeBelowTop(h: Heap, u: nat)
    requires HeapOk(h)
    ensures Free(h.m, h.bl, u) ==> u < h.top
  {
    assert UnitOk(h, u);
  }

  /** A chunk from sbrk, above everything so far, with the header morecore writes: as if handed out. */
  lemma ChunkKeepsHeap(h: Heap, c: nat, n: nat)
    requires HeapOk(h) && c >= h.top && n > 0
    ensures HeapOk(h.(m := h.m.(size := h.m.size[c := n]), live := h.live[c := n], chunks := h.chunks + [(c, n)],
      top := c + n))
  {
    var g := h.(m := h.m.(size := h.m.size[c := n]), live := h.live[c := n], chunks := h.chunks + [(c, n)],
      top := c + n);
    forall i: nat ensures NodeOk(g.m, g.bl, i) {
      assert NodeOk(h.m, h.bl, i);
      HeaderBelowTop(h, i);
      if i > 0 {
        HeaderBelowTop(h, i - 1);
      }
    }
    HeaderBelowTop(h, 0);
    forall i | 0 <= i < |h.bl| ensures h.bl[i] != c {
      HeaderBelowTop(h, i);
    }
    forall u: nat ensures Free(g.m, g.bl, u) <==> Free(h.m, h.bl, u) {
      assert forall i: nat :: i < |h.bl| ==> (InBlock(g.m.size, h.bl[i], u) <==> InBlock(h.m.size, h.bl[i], u));
    }
    forall a: nat ensures LiveOk(g, a) {
      assert LiveOk(h, a);
      LiveBelowTop(h, a);
      forall u: nat | InLive(g, a, u) ensures !Free(g.m, g.bl, u) {
        assert InLive(h, a, u) || u >= h.top;
        FreeBelowTop(h, u);
        assert Free(g.m, g.bl, u) <==> Free(h.m, h.bl, u);
      }
    }
    forall a: nat, d: nat ensures Apart(g, a, d) {
      assert Apart(h, a, d) && LiveOk(h, a) && LiveOk(h, d);
      LiveBelowTop(h, a);
      LiveBelowTop(h, d);
    }
    forall u: nat ensures UnitOk(g, u) {
      assert UnitOk(h, u);
      assert forall i: nat :: InChunk(g, i, u) <==> InChunk(h, i, u) || (i == |h.chunks| && c <= u < c + n);
      LiveBelowTop(h, c);
      assert forall a :: InLive(g, a, u) <==> InLive(h, a, u) || (a == c && c <= u < c + n);
      assert InChunk(g, |h.chunks|, u) <==> c <= u < c + n;
      assert InLive(g, c, u) <==> c <= u < c + n;
    }
  }

  // ----- The program

  /** The place of a block does not depend on how it was found. */
  lemma OnePlace(m: Memory, bl: seq<nat>, i: nat, b: nat, n: nat, j: nat)
    requires Listed(m, bl) && Place(m, bl, i, b, n) && j < |bl| && n > 0
    ensures bl[j] in m.next
    ensures b > bl[j] && b < m.next[bl[j]] <==> j == i && i + 1 < |bl|
    ensures bl[j] >= m.next[bl[j]] <==> j + 1 == |bl|
    ensures j + 1 == |bl| && i != j ==> b < bl[j] && m.next[bl[j]] == bl[0] < b
    ensures j == i ==> b > bl[j]
  {
    assert NodeOk(m, bl, j) && NodeOk(m, bl, j + 1) && Sorted(m, bl, i, b, n, j) &&
      Sorted(m, bl, i, b, n, j + 1) && Sorted(m, bl, i, b, n, 0);
    assert NodeOk(m, bl, 0);
    if j + 1 == |bl| && j > 0 {
      Ascends(m, bl, 0, j);
    }
  }

  function Steps(n: nat, from: nat, to: nat): nat
    requires from < n && to < n
  {
    if from <= to then to - from else n - from + to
  }

  /** Place i is among the first `seen` after place f, going round. */
  predicate Visited(l: nat, f: nat, seen: nat, i: nat) {
    if i > f then i <= f + seen else i + l <= f + seen
  }

  lemma SameIndex(m: Memory, bl: seq<nat>, i: nat, j: nat)
    requires Listed(m, bl) && i < |bl| && j < |bl| && bl[i] == bl[j]
    ensures i == j
  {
    if i < j {
      Ascends(m, bl, i, j);
    } else if j < i {
      Ascends(m, bl, j, i);
    }
  }

  /** Free units next to each other are in one block, because blocks do not touch. */
  lemma RunIsInOneBlock(m: Memory, bl: seq<nat>, c: nat, n: nat) returns (i: nat)
    requires Listed(m, bl) && n > 0 && forall u: nat :: c <= u < c + n ==> Free(m, bl, u)
    ensures i < |bl| && bl[i] in m.size && bl[i] <= c && c + n <= bl[i] + m.size[bl[i]]
  {
    assert Free(m, bl, c);
    i :| i < |bl| && InBlock(m.size, bl[i], c);
    var e := bl[i] + m.size[bl[i]];
    if e < c + n {
      assert Free(m, bl, e);
      var j: nat :| j < |bl| && InBlock(m.size, bl[j], e);
      AwayFrom(m, bl, i, j);
    }
  }

  /** A new chunk that is not handed out is on the list. */
  lemma NewChunkIsFree(h: Heap, g: Heap, c: nat, n: nat)
    requires HeapOk(h) && HeapOk(g) && g.live == h.live && c >= h.top && g.chunks == h.chunks + [(c, n)]
    ensures forall u: nat :: c <= u < c + n ==> Free(g.m, g.bl, u)
  {
    forall u: nat | c <= u < c + n ensures Free(g.m, g.bl, u) {
      assert InChunk(g, |h.chunks|, u) && UnitOk(g, u);
      forall a ensures !InLive(g, a, u) {
        LiveBelowTop(h, a);
      }
    }
  }

  /** n units next to each other that came from sbrk and are not handed out. */
  ghost predicate RunAt(h: Heap, c: nat, n: nat) {
    forall u: nat :: c <= u < c + n ==> Obtained(h, u) && !exists a :: InLive(h, a, u)
  }

  ghost predicate HasRun(h: Heap, n: nat) {
    exists c: nat :: RunAt(h, c, n)
  }

  /** There are such units exactly if some block on the list is that large. */
  lemma RunIsBlock(h: Heap, n: nat)
    requires HeapOk(h) && n > 0
    ensures HasRun(h, n) <==> exists i: nat :: i < |h.bl| && h.bl[i] in h.m.size && h.m.size[h.bl[i]] >= n
  {
    if c: nat :| RunAt(h, c, n) {
      forall u: nat | c <= u < c + n ensures Free(h.m, h.bl, u) {
        assert UnitOk(h, u);
      }
      var i := RunIsInOneBlock(h.m, h.bl, c, n);
    }
    if i: nat :| i < |h.bl| && h.bl[i] in h.m.size && h.m.size[h.bl[i]] >= n {
      BlockIsRun(h, i, n);
    }
  }

  lemma BlockIsRun(h: Heap, i: nat, n: nat)
    requires HeapOk(h) && i < |h.bl| && h.bl[i] in h.m.size && h.m.size[h.bl[i]] >= n
    ensures RunAt(h, h.bl[i], n)
  {
    forall u: nat | h.bl[i] <= u < h.bl[i] + n ensures Obtained(h, u) && !exists a :: InLive(h, a, u) {
      assert InBlock(h.m.size, h.bl[i], u);
      assert Free(h.m, h.bl, u) && UnitOk(h, u);
      forall a ensures !InLive(h, a, u) {
        assert LiveOk(h, a);
      }
    }
  }

  lemma NoChunksNoRun(h: Heap, n: nat)
    requires h.chunks == [] && n > 0
    ensures !HasRun(h, n)
  {
    forall c: nat ensures !RunAt(h, c, n) {
      assert !Obtained(h, c);
    }
  }

  class Allocator {
    const base: nat
    var next: map<nat, nat>
    var size: map<nat, nat>
    var freep: Option<nat>
    ghost var bl: seq<nat>
    ghost var live: map<nat, nat>
    ghost var chunks: seq<(nat, nat)>
    ghost var top: nat

    ghost function H(): Heap
      reads this
    {
      Heap(Memory(next, size), bl, live, chunks, top)
    }

    /** Before the first malloc there is no list; afterwards freep is somewhere on it. */
    ghost predicate Valid()
      reads this
    {
      HeapOk(H()) && bl[0] == base && freep.Some? && freep.value in bl
    }

    constructor (b: nat)
      ensures base == b && freep == None && live == map[] && chunks == []
    {
      base, next, size, freep := b, map[], map[], None;
      bl, live, chunks, top := [], map[], [], b + 1;
    }

    /** The search loop of free: the block on the list that b goes after. */
    method FindPlace(b: nat, ghost n: nat) returns (p: nat, ghost i: nat)
      requires Valid() && n > 0 && base < b && Clear(H().m, bl, b, n)
      ensures i < |bl| && p == bl[i] && Place(H().m, bl, i, b, n)
    {
      i := HasPlace(H().m, bl, b, n);
      p := freep.value;
      ghost var j :| 0 <= j < |bl| && bl[j] == p;
      OnePlace(H().m, bl, i, b, n, j);
      while !(b > p && b < next[p])
        invariant 0 <= j < |bl| && bl[j] == p && p in next
        decreases Steps(|bl|, j, i)
      {
        OnePlace(H().m, bl, i, b, n, j);
        if p >= next[p] && (b > p || b < next[p]) {
          assert j == i;
          break;
        }
        assert NodeOk(H().m, bl, j);
        p := next[p];
        j := if j + 1 < |bl| then j + 1 else 0;
        OnePlace(H().m, bl, i, b, n, j);
      }
      OnePlace(H().m, bl, i, b, n, j);
      assert j == i;
    }

    /** The linking at the end of free. */
    method Link(p: nat, b: nat)
      requires p in next && p in size && b in size && next[p] in size && next[p] in next
      modifies this`next, this`size
      ensures var up := LinkUp(Memory(old(next), old(size)), p, b);
        p in up.size && b in up.size && b in up.next && Memory(next, size) == LinkDown(up, p, b)
    {
      if b + size[b] == next[p] {
        size, next := size[b := size[b] + size[next[p]]], next[b := next[next[p]]];
      } else {
        next := next[b := next[p]];
      }
      if p + size[p] == b {
        size, next := size[p := size[p] + size[b]], next[p := next[b]];
      } else {
        next := next[p := b];
      }
    }

    /** free: the block's units, and no others, go back on the list. */
    method FreeBlock(b: nat)
      requires Valid() && b in live
      modifies this
      ensures Valid() && live == old(live) - {b} && chunks == old(chunks) && top == old(top)
    {
      ghost var h := H();
      LiveIsClear(h, b);
      assert LiveOk(h, b);
      var p, i := FindPlace(b, size[b]);
      ghost var r := InsertGains(h.m, bl, i, b);
      assert NodeOk(h.m, bl, i) && NodeOk(h.m, bl, i + 1) && NodeOk(h.m, bl, 0);
      Link(p, b);
      FreeKeepsHeap(h, Memory(next, size), r, b);
      freep := Some(p);
      bl, live := r, live - {b};
    }

    /** morecore: brk is what sbrk returns, an address above everything so far or nothing. */
    method Morecore(nu: nat, brk: Option<nat>) returns (ok: bool)
      requires Valid() && nu > 0 && (brk.Some? ==> brk.value >= top)
      modifies this
      ensures Valid() && live == old(live) && ok == brk.Some?
      ensures ok ==> chunks == old(chunks) + [(brk.value, if nu < 4096 then 4096 else nu)]
      ensures !ok ==> H() == old(H()) && freep == old(freep)
    {
      if brk.None? {
        return false;
      }
      var n, hp := if nu < 4096 then 4096 else nu, brk.value;
      ChunkKeepsHeap(H(), hp, n);
      LiveBelowTop(H(), hp);
      ghost var was := live;
      assert LiveOk(H(), hp);
      size := size[hp := n];
      live, chunks, top := live[hp := n], chunks + [(hp, n)], hp + n;
      FreeBlock(hp);
      assert live == was;
      ok := true;
    }

    /** Once round the list from freep: the first block of at least n units, and the one before it. */
    method Scan(n: nat) returns (found: bool, prevp: nat, p: nat, ghost k: nat, ghost f: nat, ghost seen: nat)
      requires Valid() && n > 0
      ensures f < |bl| && bl[f] == freep.value
      ensures found ==> k == if f + 1 + seen < |bl| then f + 1 + seen else f + 1 + seen - |bl|
      ensures found ==> forall i :: 0 <= i < |bl| && Visited(|bl|, f, seen, i) ==> bl[i] in size && size[bl[i]] < n
      ensures found ==> 0 < k < |bl| && p == bl[k] && prevp == bl[k - 1] && p in size && size[p] >= n
      ensures !found ==> forall i :: 0 <= i < |bl| ==> bl[i] in size && size[bl[i]] < n
    {
      ghost var m, l := H().m, |bl|;
      f :| 0 <= f < l && bl[f] == freep.value;
      prevp, seen := freep.value, 0;
      assert NodeOk(m, bl, f);
      p := next[prevp];
      k := if f + 1 < l then f + 1 else 0;
      while true
        invariant seen < l && k == (if f + 1 + seen < l then f + 1 + seen else f + 1 + seen - l) < l
        invariant p == bl[k] && prevp == bl[if k == 0 then l - 1 else k - 1]
        invariant forall i :: 0 <= i < l && Visited(l, f, seen, i) ==> bl[i] in size && size[bl[i]] < n
        decreases l - seen
      {
        assert NodeOk(m, bl, k) && NodeOk(m, bl, f);
        if size[p] >= n {
          return true, prevp, p, k, f, seen;
        }
        if p == freep.value {
          SameIndex(m, bl, k, f);
          return false, prevp, p, k, f, seen;
        }
        prevp, p := p, next[p];
        seen := seen + 1;
        k := if k + 1 < l then k + 1 else 0;
      }
    }

    /** The end of malloc: the block found, or its tail. */
    method Take(n: nat, prevp: nat, p0: nat, ghost k: nat) returns (p: nat)
      requires Valid() && n > 0 && 0 < k < |bl| && p0 == bl[k] && prevp == bl[k - 1] && p0 in size && size[p0] >= n
      modifies this
      ensures Valid() && p !in old(live) && live == old(live)[p := n] && chunks == old(chunks) && top == old(top)
    {
      ghost var h := H();
      p := p0;
      assert NodeOk(h.m, bl, k) && NodeOk(h.m, bl, k - 1);
      AwayFrom(h.m, bl, k, 0);
      if size[p] == n {
        Unlink(h.m, bl, k);
        next := next[prevp := next[p]];
        bl := bl[..k] + bl[k + 1..];
      } else {
        Carve(h.m, bl, k, n);
        size := size[p := size[p] - n];
        p := p + size[p];
        size := size[p := n];
      }
      TakeKeepsHeap(h, Memory(next, size), bl, p, n);
      live := live[p := n];
      freep := Some(prevp);
    }

    /**
     malloc: the block handed out, if any.  The scan is repeated once, after
     morecore, and then it finds something: sbrk is asked at most once.
     */
    method Malloc(nbytes: nat, brk: Option<nat>) returns (r: Option<nat>, ghost asked: bool)
      requires if freep == None then live == map[] && chunks == [] && base < top else Valid()
      requires brk.Some? ==> brk.value >= top
      modifies this
      ensures Valid()
      ensures r.Some? ==> r.value !in old(live) && live == old(live)[r.value := (nbytes + 15) / 16 + 1]
      ensures asked <==> !HasRun(old(H()), (nbytes + 15) / 16 + 1)
      ensures r.None? <==> asked && brk.None?
      ensures r.None? ==> live == old(live)
      ensures !asked ==> chunks == old(chunks)
      ensures asked && brk.Some? ==> |chunks| == |old(chunks)| + 1 && chunks[..|old(chunks)|] == old(chunks)
    {
      var n := (nbytes + 15) / 16 + 1;
      if freep == None {
        NoChunksNoRun(H(), n);
        Start();
        NoChunksNoRun(H(), n);
      }
      asked := false;
      ghost var h := H();
      RunIsBlock(h, n);
      var found, prevp, p, k, f, seen := Scan(n);
      if !found {
        asked := true;
        var ok := Morecore(n, brk);
        if !ok {
          return None, asked;
        }
        NewChunkIsFree(h, H(), brk.value, if n < 4096 then 4096 else n);
        ghost var i := RunIsInOneBlock(H().m, bl, brk.value, if n < 4096 then 4096 else n);
        found, prevp, p, k, f, seen := Scan(n);
      }
      p := Take(n, prevp, p, k);
      r := Some(p);
    }

    /** The list with only base on it. */
    method Start()
      requires freep == None && live == map[] && chunks == [] && base < top
      modifies this
      ensures Valid() && live == old(live) && chunks == old(chunks) && top == old(top)
    {
      next, size, freep, bl := next[base := base], size[base := 0], Some(base), [base];
      forall i: nat ensures NodeOk(H().m, bl, i) {
      }
    }
  }
}
