/**
  walk, walkaddr, mappages, uvmunmap, freewalk and uvmfree of vm.c over the
  three-level table.  A panic sets halted and ends the call.
 */
module PageTableCode {
  import opened Optional
  import opened PageTable
  import opened Freewalk

  const HALF: nat := 256                       // root entries below MAXVA
  const WORD: nat := 0x1_0000_0000_0000_0000   // 2^64

  lemma PxIsPos(va: nat)
    requires va < MAXVA
    ensures va / PGSIZE < MAXVPN && LowPos(va / PGSIZE) == Low(Px(2, va), Px(1, va)) && Px(2, va) < HALF
    ensures Px(0, va) == va / PGSIZE % ENTRIES
  {
    var n := va / 0x1000;
    assert va / 0x20_0000 == n / 512 && va / 0x4000_0000 == n / 0x4_0000;
  }

  // No root entry beyond MAXVA is in use.
  ghost predicate LowerHalf(t: Tables, root: nat)
  {
    forall i :: HALF <= i < ENTRIES ==> PageAt(t, root, Mid(i)).None?
  }

  ghost predicate Owned(t: Tables, root: nat, free: seq<nat>)
  {
    && Tree(t, root) && LowerHalf(t, root) && Distinct(free)
    && forall k :: 0 <= k < |free| ==> Unused(t, root, free[k])
  }

  ghost predicate SameFlat(t: Tables, t': Tables, root: nat)
  {
    forall n :: 0 <= n < MAXVPN ==> Flat(t', root, n) == Flat(t, root, n)
  }

  // t' is t with the k pages from a mapped to consecutive physical pages from ppn.
  ghost predicate Filled(t: Tables, t': Tables, root: nat, a: nat, k: nat, perm: Pte, ppn: nat)
  {
    forall n :: 0 <= n < MAXVPN ==>
      Flat(t', root, n) == if a <= n < a + k then LeafOf(perm, ppn, n - a) else Flat(t, root, n)
  }

  function LeafOf(perm: Pte, ppn: nat, k: nat): Pte { perm.(v := true, ppn := ppn + k) }

  lemma FilledSame(t: Tables, t': Tables, t'': Tables, root: nat, a: nat, k: nat, perm: Pte, ppn: nat)
    requires Filled(t, t', root, a, k, perm, ppn) && SameFlat(t', t'', root)
    ensures Filled(t, t'', root, a, k, perm, ppn)
  {
  }

  lemma FilledAt(t: Tables, t': Tables, root: nat, a: nat, k: nat, perm: Pte, ppn: nat)
    requires Filled(t, t', root, a, k, perm, ppn)
    ensures a + k < MAXVPN ==> Flat(t', root, a + k) == Flat(t, root, a + k)
  {
  }

  lemma FilledNone(t: Tables, root: nat, a: nat, perm: Pte, ppn: nat)
    ensures Filled(t, t, root, a, 0, perm, ppn)
  {
  }

  lemma LeafOfIsLeaf(perm: Pte, ppn: nat, k: nat)
    requires perm.r || perm.w || perm.x
    ensures Leaf(LeafOf(perm, ppn, k))
  {
  }

  lemma FilledNext(t: Tables, t': Tables, t'': Tables, root: nat, a: nat, k: nat, perm: Pte, ppn: nat)
    requires Filled(t, t', root, a, k, perm, ppn) && a + k < MAXVPN
    requires forall n :: 0 <= n < MAXVPN ==>
      Flat(t'', root, n) == if n == a + k then LeafOf(perm, ppn, k) else Flat(t', root, n)
    ensures Filled(t, t'', root, a, k + 1, perm, ppn) && Flat(t, root, a + k) == Flat(t', root, a + k)
  {
  }

  lemma GrowOwned(t: Tables, root: nat, q: Pos, i: nat, free: seq<nat>)
    requires Owned(t, root, free) && free != [] && InRange(q) && !q.Low? && PageAt(t, root, q).Some?
    requires i < ENTRIES && (q.Root? ==> i < HALF) && PageAt(t, root, Below(q, i)).None?
    ensures PageAt(t, root, q).value in t && |t[PageAt(t, root, q).value]| == ENTRIES
    ensures var t' := Grown(t, PageAt(t, root, q).value, i, free[0]);
      && Owned(t', root, free[1..]) && SameFlat(t, t', root) && PageAt(t', root, q) == PageAt(t, root, q)
      && PageAt(t', root, Below(q, i)) == Some(free[0])
  {
    hide PageAt, Flat, Grown, IsTable;
    assert Unused(t, root, free[0]);
    AddTable(t, root, q, i, free[0]);
    var t' := Grown(t, PageAt(t, root, q).value, i, free[0]);
    forall k | 0 <= k < |free[1..]| ensures Unused(t', root, free[1..][k]) {
      assert Unused(t, root, free[k + 1]) && free[k + 1] != free[0];
    }
    forall i' | HALF <= i' < ENTRIES ensures PageAt(t', root, Mid(i')).None? {
      assert InRange(Mid(i'));
    }
  }

  lemma LeafOwned(t: Tables, root: nat, vpn: nat, p: Pte, free: seq<nat>)
    requires Owned(t, root, free) && vpn < MAXVPN && PageAt(t, root, LowPos(vpn)).Some? && (p.v ==> Leaf(p))
    ensures PageAt(t, root, LowPos(vpn)).value in t && |t[PageAt(t, root, LowPos(vpn)).value]| == ENTRIES
    ensures var t' := SetEntry(t, PageAt(t, root, LowPos(vpn)).value, vpn % ENTRIES, p);
      Owned(t', root, free) && forall n :: 0 <= n < MAXVPN ==>
        Flat(t', root, n) == if n == vpn then p else Flat(t, root, n)
  {
    hide PageAt, Flat, SetEntry, IsTable;
    SetLeaf(t, root, vpn, p);
    LowInRange(vpn);
    var t' := SetEntry(t, PageAt(t, root, LowPos(vpn)).value, vpn % ENTRIES, p);
    forall q | InRange(q) ensures PageAt(t', root, q) == PageAt(t, root, q) {
      LeafKeepsPages(t, root, LowPos(vpn), vpn % ENTRIES, p, q);
    }
    forall i | HALF <= i < ENTRIES ensures PageAt(t', root, Mid(i)).None? {
      assert InRange(Mid(i));
    }
  }

  class Mmu {
    var tables: Tables
    const root: nat
    var free: seq<nat>                         // kalloc takes from the front
    var freed: seq<nat>                        // every page passed to kfree
    var halted: bool

    ghost predicate Valid()
      reads this
    {
      !halted && Owned(tables, root, free)
    }

    constructor (page: nat, rest: seq<nat>)
      requires Distinct(rest) && page !in rest
      ensures Valid() && free == rest && freed == [] && forall n :: 0 <= n < MAXVPN ==> Flat(tables, root, n) == ZERO
    {
      root := page;
      tables := map[page := Empty()];
      free := rest;
      freed := [];
      halted := false;
      new;
      NewTree(page, rest);
    }

    // The page of the bottom table holding va's entry.
    method Walk(va: nat, alloc: bool) returns (r: Option<nat>)
      requires Valid()
      modifies this`tables, this`free, this`halted
      ensures halted <==> va >= MAXVA
      ensures halted ==> tables == old(tables) && free == old(free)
      ensures !halted ==> Valid() && SameFlat(old(tables), tables, root)
      ensures !halted && r.Some? ==> r == PageAt(tables, root, LowPos(va / PGSIZE))
      ensures !halted && r.None? ==> PageAt(tables, root, LowPos(va / PGSIZE)).None? && (alloc ==> free == [])
      ensures !alloc ==> tables == old(tables) && free == old(free)
      ensures |old(free)| - 2 <= |free| <= |old(free)| && free == old(free)[|old(free)| - |free|..]
    {
      hide Flat, Tree, IsTable, Distinct, Unused;
      if va >= MAXVA {
        halted := true;
        return None;
      }
      PxIsPos(va);
      var level, pg := 2, root;
      ghost var q := Root;
      while level > 0
        invariant 0 <= level <= 2 && Valid() && InRange(q)
        invariant q == (if level == 2 then Root else if level == 1 then Mid(Px(2, va)) else LowPos(va / PGSIZE))
        invariant PageAt(tables, root, q) == Some(pg) && SameFlat(old(tables), tables, root)
        invariant !alloc ==> tables == old(tables) && free == old(free)
        invariant |old(free)| - 2 + level <= |free| <= |old(free)| && free == old(free)[|old(free)| - |free|..]
        modifies this`tables, this`free
      {
        var i := Px(level, va);
        TableHere(tables, root, q);
        if tables[pg][i].v {
          pg := tables[pg][i].ppn;
        } else {
          assert PageAt(tables, root, Below(q, i)).None?;
          if !alloc || free == [] {
            BelowNone(tables, root, va, q);
            return None;
          }
          GrowOwned(tables, root, q, i, free);
          var page := free[0];
          free := free[1..];
          tables := Grown(tables, pg, i, page);
          pg := page;
        }
        q := Below(q, i);
        level := level - 1;
      }
      return Some(pg);
    }

    // The physical page of a user address, if it is mapped for the user.
    method Walkaddr(va: nat) returns (pa: nat)
      requires Valid()
      modifies this`tables, this`free, this`halted
      ensures Valid() && tables == old(tables) && free == old(free)
      ensures var e := if va < MAXVA then Flat(tables, root, va / PGSIZE) else ZERO;
        pa == if e.v && e.u then e.ppn * PGSIZE else 0
    {
      hide Tree, IsTable, Distinct, Unused, PageAt;
      if va >= MAXVA {
        return 0;
      }
      var pte := Walk(va, false);
      if pte.None? {
        return 0;
      }
      PxIsPos(va);
      LowInRange(va / PGSIZE);
      TableHere(tables, root, LowPos(va / PGSIZE));
      var e := tables[pte.value][Px(0, va)];
      if !e.v || !e.u {
        return 0;
      }
      return e.ppn * PGSIZE;
    }

    // One turn of mappages' loop: entry p for page number n.
    method MapPage(n: nat, p: Pte) returns (ok: bool)
      requires Valid() && Leaf(p)
      modifies this`tables, this`free, this`halted
      ensures |free| <= |old(free)| && free == old(free)[|old(free)| - |free|..]
      ensures halted <==> Stuck(old(tables), root, n)
      ensures halted ==> SameFlat(old(tables), tables, root)
      ensures !halted && !ok ==> Valid() && SameFlat(old(tables), tables, root) && free == []
      ensures !halted && ok ==> Valid() && forall m :: 0 <= m < MAXVPN ==>
        Flat(tables, root, m) == if m == n then p else Flat(old(tables), root, m)
    {
      hide Tree, IsTable, Distinct, Unused, PageAt, Flat, Owned, Leaf;
      var pte := Walk(n * PGSIZE, true);
      if halted {
        return false;
      }
      assert Flat(tables, root, n) == Flat(old(tables), root, n);
      if pte.None? {
        NoEntry(tables, root, n);
        return false;
      }
      LowEntry(tables, root, free, n);
      if tables[pte.value][n % ENTRIES].v {
        halted := true;
        return false;
      }
      LeafOwned(tables, root, n, p, free);
      tables := SetEntry(tables, pte.value, n % ENTRIES, p);
      ok := true;
    }

    method Mappages(va: nat, size: nat, pa: nat, perm: Pte) returns (r: int)
      requires Valid() && va < WORD && size < WORD && (perm.r || perm.w || perm.x)
      modifies this`tables, this`free, this`halted
      ensures |free| <= |old(free)| && free == old(free)[|old(free)| - |free|..]
      ensures r == 0 || r == -1
      ensures var a, last, ppn := va / PGSIZE, Last(va, size), pa / PGSIZE;
        if halted then
          size == 0 || exists k ::
            0 <= k && Stops(old(tables), tables, root, a, k, last, perm, ppn) && Stuck(old(tables), root, a + k)
        else if r == 0 then
          && Valid() && a <= last < MAXVPN && Filled(old(tables), tables, root, a, last - a + 1, perm, ppn)
          && forall n :: a <= n <= last ==> !Flat(old(tables), root, n).v
        else
          Valid() && free == [] && exists k :: 0 <= k && Stops(old(tables), tables, root, a, k, last, perm, ppn)
    {
      hide Tree, IsTable, Distinct, Unused, PageAt, Flat, Owned, Filled, LeafOf;
      if size == 0 {
        halted := true;
        return 0;
      }
      var a, last, k := va / PGSIZE, Last(va, size), 0;
      ghost var ppn := pa / PGSIZE;
      FilledNone(tables, root, a, perm, ppn);
      while true
        invariant Valid() && 0 <= k && (k == 0 || a + k <= MAXVPN)
        invariant Stops(old(tables), tables, root, a, k, last, perm, ppn)
        invariant |free| <= |old(free)| && free == old(free)[|old(free)| - |free|..]
        invariant forall n :: a <= n < a + k ==> !Flat(old(tables), root, n).v
        decreases MAXVPN + 1 - k
      {
        ghost var before := tables;
        LeafOfIsLeaf(perm, ppn, k);
        var ok := MapPage(a + k, LeafOf(perm, pa / PGSIZE, k));
        FilledAt(old(tables), before, root, a, k, perm, ppn);
        if halted || !ok {
          FilledSame(old(tables), before, tables, root, a, k, perm, ppn);
          assert Stops(old(tables), tables, root, a, k, last, perm, ppn);
          return if halted then 0 else -1;
        }
        FilledNext(old(tables), before, tables, root, a, k, perm, ppn);
        if a + k == last {
          return 0;
        }
        k := k + 1;
      }
    }

    // One turn of uvmunmap's loop, at page number n.
    method UnmapPage(n: nat, doFree: bool)
      requires Valid()
      modifies this`tables, this`free, this`freed, this`halted
      ensures halted <==> Absent(old(tables), root, n)
      ensures !halted ==> Valid() && Cleared(old(tables), tables, root, n, 1) && free == old(free)
      ensures !halted ==> freed == old(freed) + if doFree then [Flat(old(tables), root, n).ppn] else []
      ensures !halted ==> forall q :: InRange(q) ==> PageAt(tables, root, q) == PageAt(old(tables), root, q)
    {
      hide Tree, IsTable, Distinct, Unused, PageAt, Flat, Owned, Leaf;
      var pte := Walk(n * PGSIZE, false);
      if halted || pte.None? {
        halted := true;
        NoneAbsent(old(tables), root, n);
        return;
      }
      LowEntry(tables, root, free, n);
      var e := tables[pte.value][n % ENTRIES];
      NotALeaf(tables, root, free, n);
      if !e.v || e == Pte(true, false, false, false, false, false, e.ppn) {
        halted := true;
        return;
      }
      if doFree {
        freed := freed + [e.ppn];
      }
      LeafOwned(tables, root, n, ZERO, free);
      LeafPages(tables, root, free, n, ZERO);
      tables := SetEntry(tables, pte.value, n % ENTRIES, ZERO);
    }

    method Uvmunmap(va: nat, npages: nat, doFree: bool)
      requires Valid()
      modifies this`tables, this`free, this`freed, this`halted
      ensures halted <==>
        va % PGSIZE != 0 || exists n :: va / PGSIZE <= n < va / PGSIZE + npages && Absent(old(tables), root, n)
      ensures !halted ==> Valid() && Cleared(old(tables), tables, root, va / PGSIZE, npages) && free == old(free)
      ensures !halted ==> freed == old(freed) + if doFree then Ppns(old(tables), root, va / PGSIZE, npages) else []
      ensures !halted ==> forall q :: InRange(q) ==> PageAt(tables, root, q) == PageAt(old(tables), root, q)
    {
      hide Tree, IsTable, Distinct, Unused, PageAt, Flat, Owned, Leaf, Cleared, Absent;
      if va % PGSIZE != 0 {
        halted := true;
        return;
      }
      var a, k := va / PGSIZE, 0;
      ClearedNone(tables, root, a);
      while k < npages
        invariant 0 <= k <= npages && Valid() && Cleared(old(tables), tables, root, a, k) && free == old(free)
        invariant freed == old(freed) + if doFree then Ppns(old(tables), root, a, k) else []
        invariant forall q :: InRange(q) ==> PageAt(tables, root, q) == PageAt(old(tables), root, q)
        invariant forall n :: a <= n < a + k ==> !Absent(old(tables), root, n)
      {
        ghost var before := tables;
        UnmapPage(a + k, doFree);
        ClearedNext(old(tables), before, tables, root, a, k);
        if halted {
          return;
        }
        k := k + 1;
      }
    }

    // Free the subtree of table page pg; a leaf in it is a panic.
    method Freewalk(pg: nat, ghost level: nat)
      requires !halted && Shaped(tables, pg, level) && Distinct(Order(tables, pg, level))
      modifies this`tables, this`freed, this`halted
      ensures halted <==> !LeafFree(old(tables), pg, level)
      ensures !halted ==> freed == old(freed) + Order(old(tables), pg, level)
      ensures forall x :: x !in Order(old(tables), pg, level) ==> Same(old(tables), tables, x)
      decreases level
    {
      hide Order, Kids, Distinct;
      ghost var was, before := tables, freed;
      KidsStart(was, pg, level);
      var i := 0;
      while i < ENTRIES
        invariant 0 <= i <= ENTRIES && !halted
        invariant freed == before + Kids(was, pg, level, i)
        invariant forall x :: x != pg && x !in Kids(was, pg, level, i) ==> Same(was, tables, x)
        invariant pg in tables && |tables[pg]| == ENTRIES
        invariant forall j :: i <= j < ENTRIES ==> tables[pg][j] == was[pg][j]
        invariant forall j :: 0 <= j < i && was[pg][j].v ==>
          level > 0 && Branch(was[pg][j]) && LeafFree(was, was[pg][j].ppn, level - 1)
      {
        var pte := tables[pg][i];
        assert pte.v ==> EntryShaped(was, pte, level);
        if pte.v && !pte.r && !pte.w && !pte.x {
          KidsMore(was, tables, pg, level, i);
          Freewalk(pte.ppn, level - 1);
          if halted {
            KidsWithin(was, pg, level, i);
            return;
          }
          tables := tables[pg := tables[pg][i := ZERO]];
        } else if pte.v {
          halted := true;
          KidsWithin(was, pg, level, i);
          return;
        } else {
          KidsSkip(was, pg, level, i);
        }
        i := i + 1;
      }
      freed := freed + [pg];
      tables := tables - {pg};
      OrderEnd(was, pg, level);
    }

    method Uvmfree(sz: nat)
      requires Valid()
      modifies this`tables, this`free, this`freed, this`halted
      ensures halted <==> !Exactly(old(tables), root, (sz + PGSIZE - 1) / PGSIZE)
      ensures !halted ==> exists order ::
        && EveryTable(old(tables), root, order)
        && freed == old(freed) + Ppns(old(tables), root, 0, (sz + PGSIZE - 1) / PGSIZE) + order
    {
      hide Tree, IsTable, Distinct, PageAt, Flat, LeafFree, Shaped, Order, Kids, Unused, NoLeaf, Cleared, Absent,
        Exactly;
      var need := (sz + PGSIZE - 1) / PGSIZE;
      ClearedNone(tables, root, 0);
      if sz > 0 {
        Uvmunmap(0, need, true);
        if halted {
          ghost var n :| 0 <= n < need && Absent(old(tables), root, n);
          AbsentBelow(old(tables), root, need, n);
          return;
        }
      }
      ClearedAll(old(tables), tables, root, need);
      TreeIsShaped(tables, root);
      EachTableOnce(tables, root);
      LeafFreeIsNoLeaf(tables, root);
      NoLeafIsFlat(tables, root, free);
      SameUnused(old(tables), tables, root);
      ghost var order := Order(tables, root, 2);
      assert EveryTable(old(tables), root, order);
      ghost var pages := Ppns(old(tables), root, 0, need);
      assert freed == old(freed) + pages;
      Freewalk(root, 2);
      assert !halted ==> freed == old(freed) + pages + order;
    }
  }

  // The first k pages from a are mapped, and last is not among them.
  ghost predicate Stops(t: Tables, t': Tables, root: nat, a: nat, k: nat, last: nat, perm: Pte, ppn: nat)
  {
    Filled(t, t', root, a, k, perm, ppn) && !(a <= last < a + k)
  }

  lemma NoEntry(t: Tables, root: nat, n: nat)
    requires PageAt(t, root, LowPos(n)).None?
    ensures Flat(t, root, n) == ZERO
  {
  }

  // The number of the last page that mappages maps.
  function Last(va: nat, size: nat): nat
  {
    (va + size + WORD - 1) % WORD / PGSIZE
  }

  // The page number where walk or the remap test panics.
  ghost predicate Stuck(t: Tables, root: nat, n: nat)
  {
    n >= MAXVPN || Flat(t, root, n).v
  }

  lemma TableHere(t: Tables, root: nat, q: Pos)
    requires Tree(t, root) && InRange(q) && PageAt(t, root, q).Some?
    ensures PageAt(t, root, q).value in t && |t[PageAt(t, root, q).value]| == ENTRIES
  {
    assert IsTable(t, PageAt(t, root, q).value, q);
  }

  lemma LowEntry(t: Tables, root: nat, free: seq<nat>, n: nat)
    requires Owned(t, root, free) && n < MAXVPN && PageAt(t, root, LowPos(n)).Some?
    ensures var pg := PageAt(t, root, LowPos(n)).value;
      pg in t && |t[pg]| == ENTRIES && Flat(t, root, n) == t[pg][n % ENTRIES]
  {
    LowInRange(n);
    TableHere(t, root, LowPos(n));
  }

  lemma BelowNone(t: Tables, root: nat, va: nat, q: Pos)
    requires va < MAXVA
    requires (q == Root && PageAt(t, root, Mid(Px(2, va))).None?)
      || (q == Mid(Px(2, va)) && PageAt(t, root, Low(Px(2, va), Px(1, va))).None?)
    ensures PageAt(t, root, LowPos(va / PGSIZE)).None?
  {
    PxIsPos(va);
  }

  lemma NewTree(page: nat, free: seq<nat>)
    requires Distinct(free) && page !in free
    ensures var t := map[page := Empty()]; Owned(t, page, free) && forall n :: 0 <= n < MAXVPN ==>
      Flat(t, page, n) == ZERO
  {
    var t: Tables := map[page := Empty()];
    assert forall q :: InRange(q) && q != Root ==> PageAt(t, page, q).None?;
  }

  // walk or the valid test panics at page number n.
  ghost predicate Absent(t: Tables, root: nat, n: nat)
  {
    n >= MAXVPN || !Flat(t, root, n).v
  }

  ghost predicate Cleared(t: Tables, t': Tables, root: nat, a: nat, k: nat)
  {
    forall n :: 0 <= n < MAXVPN ==> Flat(t', root, n) == if a <= n < a + k then ZERO else Flat(t, root, n)
  }

  // The physical pages mapped at the k page numbers from a.
  function Ppns(t: Tables, root: nat, a: nat, k: nat): (s: seq<nat>)
    ensures |s| == k && forall i :: 0 <= i < k ==> s[i] == Flat(t, root, a + i).ppn
  {
    if k == 0 then [] else Ppns(t, root, a, k - 1) + [Flat(t, root, a + k - 1).ppn]
  }

  lemma ClearedNone(t: Tables, root: nat, a: nat)
    ensures Cleared(t, t, root, a, 0)
  {
  }

  lemma ClearedNext(t: Tables, t': Tables, t'': Tables, root: nat, a: nat, k: nat)
    requires Cleared(t, t', root, a, k)
    ensures Absent(t', root, a + k) <==> Absent(t, root, a + k)
    ensures !Absent(t, root, a + k) ==> Flat(t', root, a + k) == Flat(t, root, a + k)
    ensures Cleared(t', t'', root, a + k, 1) ==> Cleared(t, t'', root, a, k + 1)
  {
  }

  lemma NoneAbsent(t: Tables, root: nat, n: nat)
    requires n < MAXVPN ==> PageAt(t, root, LowPos(n)).None?
    ensures Absent(t, root, n)
  {
    if n < MAXVPN {
      NoEntry(t, root, n);
    }
  }

  // Each page-table page once.
  ghost predicate EveryTable(t: Tables, root: nat, order: seq<nat>)
  {
    Distinct(order) && forall pg :: pg in order <==> !Unused(t, root, pg)
  }

  // What uvmfree may be given: the pages below need mapped, and no others.
  ghost predicate Exactly(t: Tables, root: nat, need: nat)
  {
    need <= MAXVPN && forall n :: 0 <= n < MAXVPN ==> (Flat(t, root, n).v <==> n < need)
  }

  lemma AbsentBelow(t: Tables, root: nat, need: nat, n: nat)
    requires n < need && Absent(t, root, n)
    ensures !Exactly(t, root, need)
  {
  }

  lemma ClearedAll(t: Tables, t': Tables, root: nat, need: nat)
    requires Cleared(t, t', root, 0, need) && forall n :: 0 <= n < need ==> !Absent(t, root, n)
    ensures Exactly(t, root, need) <==> forall n :: 0 <= n < MAXVPN ==> !Flat(t', root, n).v
  {
    if need > MAXVPN {
      assert Absent(t, root, MAXVPN);
    }
    forall n | 0 <= n < need ensures n < MAXVPN && Flat(t, root, n).v {
      assert !Absent(t, root, n);
    }
    forall n | 0 <= n < MAXVPN ensures !Flat(t', root, n).v <==> (Flat(t, root, n).v ==> n < need) {
    }
  }

  // A valid bottom entry is a leaf.
  lemma NotALeaf(t: Tables, root: nat, free: seq<nat>, n: nat)
    requires Owned(t, root, free) && n < MAXVPN && PageAt(t, root, LowPos(n)).Some?
    ensures Flat(t, root, n).v ==> Flat(t, root, n).r || Flat(t, root, n).w || Flat(t, root, n).x
  {
    LowInRange(n);
    assert IsTable(t, PageAt(t, root, LowPos(n)).value, LowPos(n));
    LowEntry(t, root, free, n);
    assert EntryOk(LowPos(n), Flat(t, root, n));
  }

  lemma LeafPages(t: Tables, root: nat, free: seq<nat>, n: nat, p: Pte)
    requires Owned(t, root, free) && n < MAXVPN && PageAt(t, root, LowPos(n)).Some?
    ensures PageAt(t, root, LowPos(n)).value in t && |t[PageAt(t, root, LowPos(n)).value]| == ENTRIES
    ensures forall q :: InRange(q) ==>
      PageAt(SetEntry(t, PageAt(t, root, LowPos(n)).value, n % ENTRIES, p), root, q) == PageAt(t, root, q)
  {
    LowInRange(n);
    LowEntry(t, root, free, n);
    forall q | InRange(q)
      ensures PageAt(SetEntry(t, PageAt(t, root, LowPos(n)).value, n % ENTRIES, p), root, q) == PageAt(t, root, q)
    {
      LeafKeepsPages(t, root, LowPos(n), n % ENTRIES, p, q);
    }
  }

  lemma SameUnused(t: Tables, t': Tables, root: nat)
    requires forall q :: InRange(q) ==> PageAt(t', root, q) == PageAt(t, root, q)
    ensures forall pg :: Unused(t', root, pg) <==> Unused(t, root, pg)
  {
  }

  lemma NoLeafIsFlat(t: Tables, root: nat, free: seq<nat>)
    requires Owned(t, root, free)
    ensures NoLeaf(t, root) <==> forall n :: 0 <= n < MAXVPN ==> !Flat(t, root, n).v
  {
    hide Tree, Child, Distinct, Unused;
    if NoLeaf(t, root) {
      forall n | 0 <= n < MAXVPN ensures !Flat(t, root, n).v {
        LowInRange(n);
        if PageAt(t, root, LowPos(n)).Some? {
          LowEntry(t, root, free, n);
          assert !EntryAt(t, PageAt(t, root, LowPos(n)).value, n % ENTRIES).v;
        }
      }
    }
    if forall n :: 0 <= n < MAXVPN ==> !Flat(t, root, n).v {
      forall q, k | InRange(q) && q.Low? && PageAt(t, root, q).Some? && 0 <= k < ENTRIES
        ensures !EntryAt(t, PageAt(t, root, q).value, k).v
      {
        assert PageAt(t, root, Mid(q.i)).Some?;
        var n := PageNumber(q.i, q.j, k);
        LowEntry(t, root, free, n);
      }
    }
  }

  function PageNumber(i: nat, j: nat, k: nat): (n: nat)
    requires i < HALF && j < ENTRIES && k < ENTRIES
    ensures n < MAXVPN && LowPos(n) == Low(i, j) && n % ENTRIES == k
  {
    var n := (i * 512 + j) * 512 + k;
    assert n / 512 == i * 512 + j && n / 0x4_0000 == i;
    n
  }

  // ----- one turn of freewalk's loop -----

  lemma KidsStart(t: Tables, pg: nat, level: nat)
    ensures Kids(t, pg, level, 0) == []
  {
  }

  lemma KidsSkip(t: Tables, pg: nat, level: nat, i: nat)
    requires Child(t, pg, i).None?
    ensures Kids(t, pg, level, i + 1) == Kids(t, pg, level, i)
  {
  }

  lemma KidsMore(t: Tables, t': Tables, pg: nat, level: nat, i: nat)
    requires Shaped(t, pg, level) && Distinct(Order(t, pg, level)) && i < ENTRIES && Branch(t[pg][i]) && level > 0
    requires forall x :: x != pg && x !in Kids(t, pg, level, i) ==> Same(t, t', x)
    ensures var c := t[pg][i].ppn;
      && Shaped(t', c, level - 1) && Distinct(Order(t', c, level - 1))
      && Order(t', c, level - 1) == Order(t, c, level - 1)
      && (LeafFree(t', c, level - 1) <==> LeafFree(t, c, level - 1))
      && Kids(t, pg, level, i + 1) == Kids(t, pg, level, i) + Order(t, c, level - 1) && pg !in Order(t, c, level - 1)
  {
    hide Order, Kids, Distinct;
    var c := t[pg][i].ppn;
    assert Child(t, pg, i) == Some(c) && EntryShaped(t, t[pg][i], level);
    ChildApart(t, pg, level, i);
    ChildSlice(t, pg, level, i);
    OrderFrame(t, t', c, level - 1);
    ShapeFrame(t, t', c, level - 1);
  }

  lemma KidsWithin(t: Tables, pg: nat, level: nat, i: nat)
    requires i < ENTRIES
    ensures forall x :: x in Kids(t, pg, level, i) || x in Kids(t, pg, level, i + 1) || x == pg ==>
      x in Order(t, pg, level)
  {
    hide Kids;
    KidsPrefix(t, pg, level, i, ENTRIES);
    KidsPrefix(t, pg, level, i + 1, ENTRIES);
    var whole := Order(t, pg, level);
    assert whole[|whole| - 1] == pg;
  }

  lemma OrderEnd(t: Tables, pg: nat, level: nat)
    ensures Order(t, pg, level) == Kids(t, pg, level, ENTRIES) + [pg]
  {
  }
}
